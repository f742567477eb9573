/** A node as an object. Whatever it does is a step, or a run, of the network model: a state of the model
    that agrees with the node before the call is taken to one that agrees with it afterwards. */
module Node {
  import opened Common
  import opened TopicRouting
  import opened Gossip
  import opened Network
  import opened Transport
  import opened Engine
  import opened SyncIntake
  import RateLimiting

  /** The offers that a handshake brings. */
  function HelloOffers(peer: Peer, subscriptions: seq<Topic>, now: int): seq<Offer> {
    seq(|subscriptions|, i requires 0 <= i < |subscriptions| => HelloOffer(peer, subscriptions[i], now))
  }

  function HelloOffer(peer: Peer, topic: Topic, now: int): Offer {
    Offer(topic, peer, Route(peer, 0, 0, [], now + ROUTE_LEASE_MS))
  }

  lemma OffersUpTo(t: Table, offers: seq<Offer>, i: nat)
    requires i < |offers|
    ensures AcceptAll(t, offers[..i + 1]) == Accept(AcceptAll(t, offers[..i]), offers[i])
  {
    assert offers[..i + 1][..i] == offers[..i];
  }

  /** The model's steps of a handshake. */
  function HelloSteps(self: Peer, peer: Peer, subscriptions: seq<Topic>, now: int): seq<Step> {
    seq(|subscriptions|, i requires 0 <= i < |subscriptions| => Handshake(self, peer, subscriptions[i], now))
  }

  lemma HelloStepsUpTo(self: Peer, peer: Peer, subscriptions: seq<Topic>, now: int, i: nat)
    requires i < |subscriptions|
    ensures var steps := HelloSteps(self, peer, subscriptions, now);
            steps[..i + 1] == steps[..i] + [Handshake(self, peer, subscriptions[i], now)]
  {
  }

  lemma HelloStepsBounds(self: Peer, peer: Peer, subscriptions: seq<Topic>, now: int)
    ensures var steps := HelloSteps(self, peer, subscriptions, now);
            && |steps| == |subscriptions| && steps[..0] == [] && steps[..|subscriptions|] == steps
            && forall i :: 0 <= i < |steps| ==> steps[i] == Handshake(self, peer, subscriptions[i], now)
  {
  }

  lemma HelloOffersAre(t: Table, peer: Peer, subscriptions: seq<Topic>, now: int)
    ensures var offers := HelloOffers(peer, subscriptions, now);
            && |offers| == |subscriptions| && AcceptAll(t, offers[..0]) == t && AcceptAll(t, offers[..|offers|]) == AcceptAll(t, offers)
            && forall i :: 0 <= i < |offers| ==> offers[i] == HelloOffer(peer, subscriptions[i], now)
  {
    var offers := HelloOffers(peer, subscriptions, now);
    assert offers[..|offers|] == offers;
  }

  /** After a handshake there is a route to the peer for each shared topic, and no other entry has changed. */
  lemma HelloRoutes(t: Table, peer: Peer, subscriptions: seq<Topic>, now: int)
    ensures var u := AcceptAll(t, HelloOffers(peer, subscriptions, now));
            && (forall i :: 0 <= i < |subscriptions| ==> Lookup(u, subscriptions[i], peer).Some?)
            && forall tp, o :: o != peer || tp !in subscriptions ==> Lookup(u, tp, o) == Lookup(t, tp, o)
  {
    var offers := HelloOffers(peer, subscriptions, now);
    forall i | 0 <= i < |subscriptions| ensures Lookup(AcceptAll(t, offers), subscriptions[i], peer).Some? {
      OfferedIsHeld(t, offers, i);
      assert offers[i] == HelloOffer(peer, subscriptions[i], now);
    }
    forall tp, o | o != peer || tp !in subscriptions ensures Lookup(AcceptAll(t, offers), tp, o) == Lookup(t, tp, o) {
      NotOffered(t, offers, tp, o);
    }
  }

  lemma {:induction false} NotOffered(t: Table, offers: seq<Offer>, topic: Topic, origin: Peer)
    requires NoneFor(offers, topic, origin)
    ensures Lookup(AcceptAll(t, offers), topic, origin) == Lookup(t, topic, origin)
  {
    if offers != [] { NotOffered(t, offers[..|offers| - 1], topic, origin); }
  }

  // ---- A node as a value, and the model's state of it ----

  /** All that a node holds. */
  datatype View = View(self: Peer, pool: Pool, fanout: nat, maxTtl: nat, local: Local, sequences: map<Topic, nat>,
                       emitted: multiset<Id>)

  function Counter(sequences: map<Topic, nat>, topic: Topic): nat {
    if topic in sequences then sequences[topic] else 0
  }

  function PeersOf(pool: Pool): set<Peer> { pool.outbound + pool.inbound }

  /** The model's state agrees with everything the node holds. */
  ghost predicate Matches(cfg: Config, s: State, v: View) {
    && s.locals.Keys == Nodes(cfg) && cfg.maxTtl == v.maxTtl && cfg.fanout == v.fanout
    && v.self in cfg.pools && cfg.pools[v.self] == v.pool && s.locals[v.self] == v.local
    && (forall topic :: SequenceOf(s, v.self, topic) == Counter(v.sequences, topic))
    && (forall id :: s.emitted[(v.self, id)] == v.emitted[id])
  }

  function Outcome(v: View, m: Message, trail: seq<Peer>, now: int, chosen: set<Peer>): Outcome {
    Receive(v.self, PeersOf(v.pool), v.local, m, Inbound(trail), now, chosen)
  }

  function Processed(v: View, m: Message, e: Outcome): View {
    v.(local := e.local, emitted := if e.emitted then v.emitted + multiset{m.id} else v.emitted)
  }

  function Transmitted(v: View, trail: seq<Peer>, e: Outcome): multiset<Copy> {
    Copies(v.pool, v.self, e.targets, e.message, trail + [v.self])
  }

  ghost predicate LegitChoice(v: View, m: Message, trail: seq<Peer>, now: int, chosen: set<Peer>) {
    m.kind.Ordinary? && m.id !in v.local.seen ==>
      FanoutChoice(v.fanout, Eligible(PeersOf(v.pool), v.local.routes, m, Inbound(trail), now), chosen)
  }

  lemma ArriveMatches(cfg: Config, s: State, v: View, m: Message, trail: seq<Peer>, now: int, chosen: set<Peer>)
    requires Matches(cfg, s, v)
    ensures var e := Outcome(v, m, trail, now, chosen);
            var t := Arrive(cfg, s, v.self, m, trail, now, chosen);
            Matches(cfg, t, Processed(v, m, e)) && t.net == s.net + Transmitted(v, trail, e)
  {
    hide Receive, Copies;
    var e := Outcome(v, m, trail, now, chosen);
    var t, after := Arrive(cfg, s, v.self, m, trail, now, chosen), Processed(v, m, e);
    forall id ensures t.emitted[(v.self, id)] == after.emitted[id] {
      assert s.emitted[(v.self, id)] == v.emitted[id];
    }
    forall topic ensures SequenceOf(t, v.self, topic) == Counter(after.sequences, topic) {
      assert SequenceOf(s, v.self, topic) == Counter(v.sequences, topic);
    }
  }

  lemma DeliveryMatches(cfg: Config, s: State, v: View, c: Copy, now: int, chosen: set<Peer>)
    requires Matches(cfg, s, v) && c in s.net && c.to == v.self && LegitChoice(v, c.msg, c.trail, now, chosen)
    ensures var step, e := Deliver(c, now, chosen), Outcome(v, c.msg, c.trail, now, chosen);
            && Enabled(cfg, s, step) && Matches(cfg, Next(cfg, s, step), Processed(v, c.msg, e))
            && Next(cfg, s, step).net == s.net - multiset{c} + Transmitted(v, c.trail, e)
  {
    hide Receive, Copies, Eligible, FanoutChoice, Arrive;
    TakenMatches(cfg, s, v, c);
    ArriveMatches(cfg, Taken(s, c), v, c.msg, c.trail, now, chosen);
  }

  lemma TakenMatches(cfg: Config, s: State, v: View, c: Copy)
    requires Matches(cfg, s, v)
    ensures Matches(cfg, Taken(s, c), v)
  {
    assert forall topic :: SequenceOf(Taken(s, c), v.self, topic) == SequenceOf(s, v.self, topic);
  }

  lemma LossMatches(cfg: Config, s: State, v: View, c: Copy)
    requires Matches(cfg, s, v) && c in s.net
    ensures Enabled(cfg, s, Lose(c)) && Matches(cfg, Next(cfg, s, Lose(c)), v) && Next(cfg, s, Lose(c)).net == s.net - multiset{c}
  {
    TakenMatches(cfg, s, v, c);
  }

  /** The node's counters after an origination. */
  function Counted(v: View, step: Step): View {
    if step.Advertise? then v.(sequences := v.sequences[step.topic := Counter(v.sequences, step.topic) + 1]) else v
  }

  function Composed(v: View, step: Step): Message
    requires step.Publish? || step.Advertise?
  {
    if step.Publish? then Message(step.id, Ordinary, v.self, step.topic, v.maxTtl, [])
    else Message(step.id, Control(SubAd(step.topic, Counter(v.sequences, step.topic) + 1, step.action)), v.self, "global", v.maxTtl, [])
  }

  lemma OriginatedMatches(cfg: Config, s: State, v: View, step: Step)
    requires Matches(cfg, s, v) && (step.Publish? || step.Advertise?) && step.node == v.self
    ensures Matches(cfg, Originated(cfg, s, step), Counted(v, step))
    ensures NewMessage(cfg, step, s) == Composed(v, step) && Originated(cfg, s, step).net == s.net
  {
    assert SequenceOf(s, v.self, step.topic) == Counter(v.sequences, step.topic);
    var t, after := Originated(cfg, s, step), Counted(v, step);
    forall topic ensures SequenceOf(t, v.self, topic) == Counter(after.sequences, topic) {
      assert SequenceOf(s, v.self, topic) == Counter(v.sequences, topic);
    }
  }

  lemma OriginationMatches(cfg: Config, s: State, v: View, step: Step, now: int, chosen: set<Peer>)
    requires Matches(cfg, s, v) && (step.Publish? || step.Advertise?) && step.node == v.self && step.id !in s.log && step.now == now
    requires step.Publish? ==> step.chosen == chosen
    requires step.Advertise? ==> step.action != Unknown
    requires LegitChoice(v, Composed(v, step), [], now, chosen)
    ensures var e := Outcome(v, Composed(v, step), [], now, chosen);
            && Enabled(cfg, s, step) && Matches(cfg, Next(cfg, s, step), Processed(Counted(v, step), Composed(v, step), e))
            && Next(cfg, s, step).net == s.net + Transmitted(v, [], e)
  {
    OriginatedMatches(cfg, s, v, step);
    ArriveMatches(cfg, Originated(cfg, s, step), Counted(v, step), Composed(v, step), [], now, chosen);
    if step.Advertise? { AdsNeedNoChoice(v, Composed(v, step), now, chosen); }
    hide Receive, Copies, Eligible, FanoutChoice;
  }

  lemma OriginationLogs(cfg: Config, s: State, step: Step)
    requires Enabled(cfg, s, step) && (step.Publish? || step.Advertise?)
    ensures Next(cfg, s, step).log.Keys == s.log.Keys + {step.id}
  {
    hide Receive, Copies;
  }

  lemma AdsNeedNoChoice(v: View, m: Message, now: int, chosen: set<Peer>)
    requires m.kind.Control?
    ensures Outcome(v, m, [], now, chosen) == Outcome(v, m, [], now, {})
  {
  }

  /** Steps that only change the node's table. */
  lemma TableStepMatches(cfg: Config, s: State, v: View, step: Step, table: Table)
    requires Matches(cfg, s, v)
    requires
      match step
      case Handshake(n, peer, topic, now) => n == v.self && peer in PeersOf(v.pool) && table == Accept(v.local.routes, HelloOffer(peer, topic, now))
      case Collect(n, now) => n == v.self && table == Collected(v.local.routes, now)
      case Disconnect(n, peer) => n == v.self && peer in PeersOf(v.pool) && table == Cleared(v.local.routes, peer)
      case _ => false
    ensures Enabled(cfg, s, step) && Matches(cfg, Next(cfg, s, step), v.(local := v.local.(routes := table)))
    ensures Next(cfg, s, step).net == s.net
  {
    hide Accept, Collected, Cleared;
    var t := WithRoutes(s, v.self, table);
    assert forall topic :: SequenceOf(t, v.self, topic) == SequenceOf(s, v.self, topic);
  }

  /** What two steps sent adds up. */
  lemma SentInTurn(s: multiset<Copy>, t: multiset<Copy>, u: multiset<Copy>, sent0: multiset<Copy>, sent1: multiset<Copy>, sent2: multiset<Copy>)
    requires t + sent0 == s + sent1 && u + sent1 == t + sent2
    ensures u + sent0 == s + sent2
  {
    forall c ensures (u + sent0)[c] == (s + sent2)[c] {
      assert (t + sent0)[c] == (s + sent1)[c] && (u + sent1)[c] == (t + sent2)[c];
    }
  }

  /** The counters of exactly these topics went up, each by one. */
  ghost predicate Advanced(before: map<Topic, nat>, after: map<Topic, nat>, topics: set<Topic>) {
    forall topic :: Counter(after, topic) == Counter(before, topic) + if topic in topics then 1 else 0
  }

  lemma NoneAdvanced(sequences: map<Topic, nat>)
    ensures Advanced(sequences, sequences, {})
  {
  }

  lemma AdvanceOne(before: map<Topic, nat>, after: map<Topic, nat>, done: set<Topic>, topic: Topic)
    requires Advanced(before, after, done) && topic !in done
    ensures Advanced(before, after[topic := Counter(after, topic) + 1], done + {topic})
  {
  }

  /** Each step advertises some subscription again, under the id of its position. */
  ghost predicate Refreshing(steps: seq<Step>, ids: seq<Id>, self: Peer, subscriptions: set<Topic>, now: int) {
    |steps| <= |ids| && forall i :: 0 <= i < |steps| ==>
      exists topic :: topic in subscriptions && steps[i] == Advertise(self, ids[i], topic, Join, now)
  }

  lemma NoRefresh(ids: seq<Id>, self: Peer, subscriptions: set<Topic>, now: int)
    ensures Refreshing([], ids, self, subscriptions, now)
  {
  }

  lemma RefreshOne(steps: seq<Step>, ids: seq<Id>, self: Peer, subscriptions: set<Topic>, topic: Topic, now: int)
    requires Refreshing(steps, ids, self, subscriptions, now) && |steps| < |ids| && topic in subscriptions
    ensures Refreshing(steps + [Advertise(self, ids[|steps|], topic, Join, now)], ids, self, subscriptions, now)
  {
  }

  /** From position `i` on the ids are distinct and not in use. */
  ghost predicate UnusedFrom(ids: seq<Id>, i: nat, used: set<Id>) {
    && (forall k :: i <= k < |ids| ==> ids[k] !in used)
    && (forall j, k :: i <= j < k < |ids| ==> ids[j] != ids[k])
  }

  lemma UseOne(ids: seq<Id>, i: nat, used: set<Id>)
    requires UnusedFrom(ids, i, used) && i < |ids|
    ensures ids[i] !in used && UnusedFrom(ids, i + 1, used + {ids[i]})
  {
  }

  class P2PNode {
    const peerId: Peer
    const gossipEngine: GossipEngine
    const connectionPool: ConnectionPool
    const maxTtl: nat
    var localSubscriptions: set<Topic>
    var localSequences: map<Topic, nat>

    constructor (connectionPool: ConnectionPool, capacity: real, refillRate: real, fanout: nat, maxTtl: nat)
      ensures Valid() && this.connectionPool == connectionPool && this.maxTtl == maxTtl && gossipEngine.fanout == fanout
      ensures fresh(gossipEngine) && fresh(gossipEngine.topicRouter) && fresh(gossipEngine.rateLimiter)
      ensures localSubscriptions == {"global", "dm:" + peerId} && localSequences == map[]
      ensures gossipEngine.State() == Local({}, map[]) && gossipEngine.emitted == multiset{}
    {
      this.peerId, this.connectionPool, this.maxTtl := connectionPool.localPeerId, connectionPool, maxTtl;
      gossipEngine := new GossipEngine(connectionPool, capacity, refillRate, fanout);
      localSubscriptions, localSequences := {"global", "dm:" + connectionPool.localPeerId}, map[];
    }

    ghost predicate Valid()
      reads this, gossipEngine, gossipEngine.topicRouter
    {
      gossipEngine.Valid() && gossipEngine.connectionPool == connectionPool && connectionPool.localPeerId == peerId
    }

    ghost function Holds(): View
      reads this, gossipEngine, gossipEngine.topicRouter, connectionPool
    {
      View(peerId, connectionPool.Connections(), gossipEngine.fanout, maxTtl, gossipEngine.State(), localSequences, gossipEngine.emitted)
    }

    ghost predicate Agrees(cfg: Config, s: State)
      reads this, gossipEngine, gossipEngine.topicRouter, connectionPool
    {
      Valid() && Matches(cfg, s, Holds())
    }

    /** A gossip message arrives over a connection: it is delivered, or lost to one of the checks. */
    method OnGossip(c: Copy, powValid: bool, signatureValid: bool, now: int, ghost cfg: Config, ghost s: State)
      returns (ghost step: Step, ghost t: State)
      requires Agrees(cfg, s) && c in s.net && c.to == peerId && Inbound(c.trail) == Some(c.from)
      modifies gossipEngine, gossipEngine.rateLimiter, gossipEngine.topicRouter, connectionPool`sent
      ensures (step.Deliver? && step.copy == c && step.now == now) || step == Lose(c)
      ensures step.Deliver? == (powValid && signatureValid
                               && RateLimiting.Check(gossipEngine.rateLimiter.rate, old(gossipEngine.rateLimiter.AccountOf(c.from)), now).1.Admitted?)
      ensures forall p :: p != c.from || !powValid ==> gossipEngine.rateLimiter.AccountOf(p) == old(gossipEngine.rateLimiter.AccountOf(p))
      ensures Enabled(cfg, s, step) && t == Next(cfg, s, step) && Agrees(cfg, t)
      ensures t.net + old(connectionPool.sent) == s.net - multiset{c} + connectionPool.sent
    {
      hide Matches, Next, Enabled, Receive, Copies, Eligible, FanoutChoice, RateLimiting.Check;
      ghost var v := Holds();
      ghost var admitted := RateLimiting.Check(gossipEngine.rateLimiter.rate, gossipEngine.rateLimiter.AccountOf(c.from), now).1.Admitted?;
      hide gossipEngine.rateLimiter.AccountOf;
      var message := new P2PMessage(c.msg);
      ghost var chosen := gossipEngine.ReceiveMessage(message, Some(c.from), powValid, signatureValid, now, c.trail);
      if powValid && signatureValid && admitted {
        step := Deliver(c, now, chosen);
        DeliveryMatches(cfg, s, v, c, now, chosen);
      } else {
        step := Lose(c);
        LossMatches(cfg, s, v, c);
      }
      t := Next(cfg, s, step);
    }

    /** A new message with a fresh id; the node's own messages pass the checks. */
    method Publish(id: Id, topic: Topic, now: int, ghost cfg: Config, ghost s: State)
      returns (ghost step: Step, ghost t: State)
      requires Agrees(cfg, s) && id !in s.log
      modifies gossipEngine, gossipEngine.rateLimiter, gossipEngine.topicRouter, connectionPool`sent
      ensures step.Publish? && step.node == peerId && step.id == id && step.topic == topic && step.now == now
      ensures Enabled(cfg, s, step) && t == Next(cfg, s, step) && Agrees(cfg, t)
      ensures t.net + old(connectionPool.sent) == s.net + connectionPool.sent
    {
      hide Matches, Next, Enabled, Receive, Copies, Eligible, FanoutChoice;
      ghost var v := Holds();
      var message := new P2PMessage(Message(id, Ordinary, peerId, topic, maxTtl, []));
      ghost var chosen := gossipEngine.ReceiveMessage(message, None, true, true, now, []);
      step := Step.Publish(peerId, id, topic, now, chosen);
      OriginationMatches(cfg, s, v, step, now, chosen);
      t := Next(cfg, s, step);
    }

    method AdvertiseSubscription(topic: Topic, action: Action, id: Id, now: int, ghost cfg: Config, ghost s: State)
      returns (ghost step: Step, ghost t: State)
      requires Agrees(cfg, s) && id !in s.log && action != Unknown
      modifies this`localSequences, gossipEngine, gossipEngine.rateLimiter, gossipEngine.topicRouter, connectionPool`sent
      ensures step == Advertise(peerId, id, topic, action, now)
      ensures localSequences == old(localSequences)[topic := old(Counter(localSequences, topic)) + 1]
      ensures t.log.Keys == s.log.Keys + {id}
      ensures Enabled(cfg, s, step) && t == Next(cfg, s, step) && Agrees(cfg, t)
      ensures t.net + old(connectionPool.sent) == s.net + connectionPool.sent
    {
      hide Matches, Next, Enabled, Receive, Copies, Eligible, FanoutChoice;
      ghost var v := Holds();
      var seq' := Counter(localSequences, topic) + 1;
      localSequences := localSequences[topic := seq'];
      var message := new P2PMessage(Message(id, Control(SubAd(topic, seq', action)), peerId, "global", maxTtl, []));
      ghost var chosen := gossipEngine.ReceiveMessage(message, None, true, true, now, []);
      step := Advertise(peerId, id, topic, action, now);
      OriginationMatches(cfg, s, v, step, now, chosen);
      OriginationLogs(cfg, s, step);
      t := Next(cfg, s, step);
    }

    /** Subscribing again is no step at all. */
    method Subscribe(topic: Topic, id: Id, now: int, ghost cfg: Config, ghost s: State)
      returns (ghost steps: seq<Step>, ghost t: State)
      requires Agrees(cfg, s) && id !in s.log
      modifies this, gossipEngine, gossipEngine.rateLimiter, gossipEngine.topicRouter, connectionPool`sent
      ensures localSubscriptions == old(localSubscriptions) + {topic}
      ensures steps == if topic in old(localSubscriptions) then [] else [Advertise(peerId, id, topic, Join, now)]
      ensures Run(cfg, s, steps, t) && Agrees(cfg, t)
      ensures t.net + old(connectionPool.sent) == s.net + connectionPool.sent
    {
      if topic in localSubscriptions { return [], s; }
      localSubscriptions := localSubscriptions + {topic};
      ghost var step;
      step, t := AdvertiseSubscription(topic, Join, id, now, cfg, s);
      steps := [step];
      OneStep(cfg, s, step);
    }

    method Unsubscribe(topic: Topic, id: Id, now: int, ghost cfg: Config, ghost s: State)
      returns (ghost steps: seq<Step>, ghost t: State)
      requires Agrees(cfg, s) && id !in s.log
      modifies this, gossipEngine, gossipEngine.rateLimiter, gossipEngine.topicRouter, connectionPool`sent
      ensures localSubscriptions == old(localSubscriptions) - {topic}
      ensures steps == if topic in old(localSubscriptions) then [Advertise(peerId, id, topic, Leave, now)] else []
      ensures Run(cfg, s, steps, t) && Agrees(cfg, t)
      ensures t.net + old(connectionPool.sent) == s.net + connectionPool.sent
    {
      if topic !in localSubscriptions { return [], s; }
      localSubscriptions := localSubscriptions - {topic};
      ghost var step;
      step, t := AdvertiseSubscription(topic, Leave, id, now, cfg, s);
      steps := [step];
      OneStep(cfg, s, step);
    }

    /** Every subscription is advertised again, once, under its next sequence number. */
    method RefreshSubscriptions(ids: seq<Id>, now: int, ghost cfg: Config, ghost s: State)
      returns (ghost steps: seq<Step>, ghost t: State)
      requires Agrees(cfg, s) && |ids| == |localSubscriptions| && UnusedFrom(ids, 0, s.log.Keys)
      modifies this`localSequences, gossipEngine, gossipEngine.rateLimiter, gossipEngine.topicRouter, connectionPool`sent
      ensures Advanced(old(localSequences), localSequences, localSubscriptions)
      ensures |steps| == |ids| && Refreshing(steps, ids, peerId, localSubscriptions, now)
      ensures Run(cfg, s, steps, t) && Agrees(cfg, t)
      ensures t.net + old(connectionPool.sent) == s.net + connectionPool.sent
    {
      hide Matches, Next, Enabled, Run, UnusedFrom, Receive, Copies, Advanced, Refreshing;
      NoSteps(cfg, s);
      steps, t := [], s;
      var todo := localSubscriptions;
      NoneAdvanced(localSequences);
      NoRefresh(ids, peerId, localSubscriptions, now);
      assert localSubscriptions - todo == {};
      var i := 0;
      while todo != {}
        invariant Valid() && todo <= localSubscriptions && i + |todo| == |ids|
        invariant Advanced(old(localSequences), localSequences, localSubscriptions - todo)
        invariant |steps| == i && Refreshing(steps, ids, peerId, localSubscriptions, now)
        invariant Run(cfg, s, steps, t) && Agrees(cfg, t)
        invariant UnusedFrom(ids, i, t.log.Keys)
        invariant t.net + old(connectionPool.sent) == s.net + connectionPool.sent
        decreases todo
      {
        var topic :| topic in todo;
        UseOne(ids, i, t.log.Keys);
        AdvanceOne(old(localSequences), localSequences, localSubscriptions - todo, topic);
        assert localSubscriptions - (todo - {topic}) == localSubscriptions - todo + {topic};
        ghost var step, u, sent1 := *, *, connectionPool.sent;
        step, u := AdvertiseSubscription(topic, Join, ids[i], now, cfg, t);
        RunSnoc(cfg, s, steps, t, step);
        RefreshOne(steps, ids, peerId, localSubscriptions, topic, now);
        SentInTurn(s.net, t.net, u.net, old(connectionPool.sent), sent1, connectionPool.sent);
        steps, t := steps + [step], u;
        todo, i := todo - {topic}, i + 1;
      }
      assert localSubscriptions - todo == localSubscriptions;
    }

    ghost function IntakeFrom(peer: Peer): Intake
      reads gossipEngine, gossipEngine.rateLimiter
    {
      Intake(gossipEngine.rateLimiter.AccountOf(peer), gossipEngine.seenMessages)
    }

    ghost function Effects(): Effect
      reads gossipEngine, gossipEngine.topicRouter, connectionPool
    {
      Effect(gossipEngine.State(), gossipEngine.emitted, connectionPool.sent)
    }

    ghost function SiteFor(peer: Peer): Site
      reads connectionPool
    {
      Site(peerId, peer, connectionPool.Connections(), gossipEngine.fanout)
    }

    /** Messages that come in a sync batch go through the same checks and the same deduplication, one by
        one, and those that pass are processed and sent on like gossip from the sender of the batch. The
        sender gets its acknowledgement whatever became of the messages. A payload that is no list is left
        alone, and not acknowledged. */
    method ReceiveSyncBatch(payload: Option<seq<Message>>, batchId: Id, fromPeerId: Peer, oracle: Oracle, times: seq<int>)
      returns (ghost choices: seq<set<Peer>>)
      requires Valid() && |times| == |MessagesOf(payload)|
      modifies gossipEngine, gossipEngine.rateLimiter, gossipEngine.topicRouter, connectionPool`sent, connectionPool`replies
      ensures Valid() && |choices| == |MessagesOf(payload)|
      ensures IntakeFrom(fromPeerId) == TakeAll(gossipEngine.rateLimiter.rate, old(IntakeFrom(fromPeerId)), MessagesOf(payload), oracle, times)
      ensures forall p :: p != fromPeerId ==> gossipEngine.rateLimiter.AccountOf(p) == old(gossipEngine.rateLimiter.AccountOf(p))
      ensures Effects() == InjectAll(SiteFor(fromPeerId), gossipEngine.rateLimiter.rate, old(IntakeFrom(fromPeerId)), old(Effects()),
                                     MessagesOf(payload), oracle, times, choices)
      ensures LegitChoices(SiteFor(fromPeerId), gossipEngine.rateLimiter.rate, old(IntakeFrom(fromPeerId)), old(Effects()),
                           MessagesOf(payload), oracle, times, choices)
      ensures AllOrdinary(MessagesOf(payload)) ==>
                && gossipEngine.emitted == old(gossipEngine.emitted) + multiset(gossipEngine.seenMessages - old(gossipEngine.seenMessages))
                && gossipEngine.topicRouter.routes == old(gossipEngine.topicRouter.routes)
      ensures connectionPool.replies == old(connectionPool.replies) + if payload.Some? && fromPeerId in connectionPool.Peers() then [(fromPeerId, batchId)] else []
    {
      var messages := MessagesOf(payload);
      hide BatchSoFar, TakeAll, TakeOne, InjectAll, InjectOne, LegitChoices, LegitTargets, IsTaken, AllOrdinary;
      var limiter := gossipEngine.rateLimiter;
      ghost var start, first, site := IntakeFrom(fromPeerId), Effects(), SiteFor(fromPeerId);
      choices := [];
      BatchStarts(site, limiter.rate, start, first, messages, oracle, times);
      for i := 0 to |messages|
        invariant Valid() && |choices| == i && connectionPool.replies == old(connectionPool.replies)
        invariant BatchSoFar(site, limiter.rate, start, first, messages, oracle, times, i, choices, IntakeFrom(fromPeerId), Effects())
        invariant forall p :: p != fromPeerId ==> limiter.AccountOf(p) == old(limiter.AccountOf(p))
      {
        ghost var j, g := IntakeFrom(fromPeerId), Effects();
        ghost var chosen := Inject(messages[i], fromPeerId, oracle, times[i]);
        BatchGoesOn(site, limiter.rate, start, first, messages, oracle, times, i, choices, j, g, chosen, IntakeFrom(fromPeerId), Effects());
        choices := choices + [chosen];
      }
      BatchEnds(site, limiter.rate, start, first, messages, oracle, times, choices, IntakeFrom(fromPeerId), Effects());
      if payload.Some? { connectionPool.SendReply(fromPeerId, batchId); }
    }

    /** One message of a batch. */
    method Inject(m: Message, fromPeerId: Peer, oracle: Oracle, now: int) returns (ghost chosen: set<Peer>)
      requires Valid()
      modifies gossipEngine, gossipEngine.rateLimiter, gossipEngine.topicRouter, connectionPool`sent
      ensures Valid()
      ensures IntakeFrom(fromPeerId) == TakeOne(gossipEngine.rateLimiter.rate, old(IntakeFrom(fromPeerId)), m, oracle, now)
      ensures forall p :: p != fromPeerId ==> gossipEngine.rateLimiter.AccountOf(p) == old(gossipEngine.rateLimiter.AccountOf(p))
      ensures var taken := IsTaken(gossipEngine.rateLimiter.rate, old(IntakeFrom(fromPeerId)), m, oracle, now);
              && Effects() == InjectOne(SiteFor(fromPeerId), taken, old(Effects()), m, now, chosen)
              && (taken ==> LegitTargets(SiteFor(fromPeerId), old(gossipEngine.State()), m, now, chosen))
      ensures m.kind.Ordinary? ==>
                && gossipEngine.emitted == old(gossipEngine.emitted) + multiset(gossipEngine.seenMessages - old(gossipEngine.seenMessages))
                && gossipEngine.topicRouter.routes == old(gossipEngine.topicRouter.routes)
    {
      hide Receive, Copies, Eligible, FanoutChoice, RateLimiting.Check;
      chosen := {};
      assert gossipEngine.seenMessages - gossipEngine.seenMessages == {};
      if m.id in gossipEngine.seenMessages { return; }
      var message := new P2PMessage(m);
      ghost var was := gossipEngine.State();
      assert was.seen + {m.id} - was.seen == {m.id};
      chosen := gossipEngine.ReceiveMessage(message, Some(fromPeerId), oracle.powValid(m), oracle.signatureValid(m), now, [fromPeerId]);
      assert [fromPeerId] + [peerId] == [fromPeerId, peerId];
      NewIsTaken(peerId, connectionPool.Peers(), was, m, Some(fromPeerId), now, chosen);
    }

    /** The direct routes of a peer that introduces itself. */
    method RegisterSubscriptions(peer: Peer, subscriptions: seq<Topic>, now: int, ghost cfg: Config, ghost s: State)
      returns (ghost steps: seq<Step>, ghost t: State)
      requires Agrees(cfg, s) && peer in connectionPool.Peers()
      modifies gossipEngine.topicRouter
      ensures gossipEngine.topicRouter.routes == AcceptAll(old(gossipEngine.topicRouter.routes), HelloOffers(peer, subscriptions, now))
      ensures |steps| == |subscriptions| && forall i :: 0 <= i < |steps| ==> steps[i] == Handshake(peerId, peer, subscriptions[i], now)
      ensures forall i :: 0 <= i < |subscriptions| ==> Lookup(gossipEngine.topicRouter.routes, subscriptions[i], peer).Some?
      ensures forall tp, o :: o != peer || tp !in subscriptions ==>
                Lookup(gossipEngine.topicRouter.routes, tp, o) == Lookup(old(gossipEngine.topicRouter.routes), tp, o)
      ensures Run(cfg, s, steps, t) && Agrees(cfg, t)
      ensures t.net == s.net
    {
      hide Matches, Next, Enabled, HelloOffers, HelloSteps, Run, Accept, AcceptAll;
      HelloStepsBounds(peerId, peer, subscriptions, now);
      HelloRoutes(gossipEngine.topicRouter.routes, peer, subscriptions, now);
      steps, t := [], s;
      ghost var offers := HelloOffers(peer, subscriptions, now);
      ghost var was := gossipEngine.topicRouter.routes;
      HelloOffersAre(was, peer, subscriptions, now);
      NoSteps(cfg, s);
      for i := 0 to |subscriptions|
        invariant gossipEngine.topicRouter.routes == AcceptAll(was, offers[..i])
        invariant steps == HelloSteps(peerId, peer, subscriptions, now)[..i]
        invariant Run(cfg, s, steps, t) && Agrees(cfg, t) && t.net == s.net
      {
        ghost var v := Holds();
        var updated := gossipEngine.topicRouter.UpdateRoute(subscriptions[i], peer, peer, 0, 0, [], now + ROUTE_LEASE_MS);
        ghost var step := Handshake(peerId, peer, subscriptions[i], now);
        OffersUpTo(was, offers, i);
        HelloStepsUpTo(peerId, peer, subscriptions, now, i);
        TableStepMatches(cfg, t, v, step, gossipEngine.topicRouter.routes);
        RunSnoc(cfg, s, steps, t, step);
        steps, t := steps + [step], Next(cfg, t, step);
      }
    }

    method OnPeerGone(peer: Peer, ghost cfg: Config, ghost s: State) returns (ghost t: State)
      requires Agrees(cfg, s) && peer in connectionPool.Peers()
      modifies gossipEngine.topicRouter
      ensures Enabled(cfg, s, Disconnect(peerId, peer)) && t == Next(cfg, s, Disconnect(peerId, peer)) && Agrees(cfg, t)
      ensures t.net == s.net
    {
      hide Matches, Next, Enabled;
      ghost var v := Holds();
      gossipEngine.topicRouter.ClearRoutesForPeer(peer);
      TableStepMatches(cfg, s, v, Disconnect(peerId, peer), gossipEngine.topicRouter.routes);
      t := Next(cfg, s, Disconnect(peerId, peer));
    }

    method CollectRoutes(now: int, ghost cfg: Config, ghost s: State) returns (ghost t: State)
      requires Agrees(cfg, s)
      modifies gossipEngine.topicRouter
      ensures Enabled(cfg, s, Collect(peerId, now)) && t == Next(cfg, s, Collect(peerId, now)) && Agrees(cfg, t)
      ensures t.net == s.net
    {
      hide Matches, Next, Enabled;
      ghost var v := Holds();
      gossipEngine.topicRouter.Gc(now);
      TableStepMatches(cfg, s, v, Collect(peerId, now), gossipEngine.topicRouter.routes);
      t := Next(cfg, s, Collect(peerId, now));
    }

    lemma OneStep(cfg: Config, s: State, step: Step)
      requires Enabled(cfg, s, step)
      ensures Run(cfg, s, [step], Next(cfg, s, step))
    {
      assert [step][1..] == [];
      assert Run(cfg, Next(cfg, s, step), [], Next(cfg, s, step));
    }
  }
}
