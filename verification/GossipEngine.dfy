/** The gossip engine as an object: its methods change the message and the tables in place, and what they
    do is what `Receive` says. */
module Engine {
  import opened Common
  import opened TopicRouting
  import opened Gossip
  import opened Network
  import opened Transport
  import RateLimiting

  /** The members of a list that lie in a set, in order. */
  function Filter(ids: seq<Peer>, keep: set<Peer>): (r: seq<Peer>)
    ensures Set(r) == Set(ids) * keep
    ensures NoDup(ids) ==> NoDup(r)
  {
    if ids == [] then []
    else
      var r, last := Filter(ids[..|ids| - 1], keep), ids[|ids| - 1];
      assert ids == ids[..|ids| - 1] + [last];
      SetSnoc(ids[..|ids| - 1], last);
      SetSnoc(r, last);
      if last in keep then r + [last] else r
  }

  lemma SetSize(ids: seq<Peer>)
    requires NoDup(ids)
    ensures |Set(ids)| == |ids|
  {
    if ids != [] {
      var rest, last := ids[..|ids| - 1], ids[|ids| - 1];
      assert ids == rest + [last];
      SetSnoc(rest, last);
      SetSize(rest);
    }
  }

  /** Taking out one position of a list without repetitions takes out one member. */
  lemma Spliced(ids: seq<Peer>, i: nat)
    requires NoDup(ids) && i < |ids|
    ensures var rest := ids[..i] + ids[i + 1..];
            NoDup(rest) && Set(rest) == Set(ids) - {ids[i]} && ids[i] in Set(ids)
  {
    var rest := ids[..i] + ids[i + 1..];
    forall p | p in ids && p != ids[i] ensures p in rest {
      var k :| 0 <= k < |ids| && ids[k] == p;
      assert p == rest[if k < i then k else k - 1];
    }
    forall p | p in rest ensures p in ids && p != ids[i] {
      var k :| 0 <= k < |rest| && rest[k] == p;
      assert p == ids[if k < i then k else k + 1];
    }
  }

  class GossipEngine {
    const connectionPool: ConnectionPool
    const rateLimiter: RateLimiting.RateLimiter
    const topicRouter: TopicRouter
    const fanout: nat
    var seenMessages: set<Id>
    var emitted: multiset<Id>

    /** Nothing is handed to the application twice, or without being remembered. */
    ghost predicate Valid()
      reads this, topicRouter
    {
      topicRouter.Valid() && forall id :: emitted[id] <= if id in seenMessages then 1 else 0
    }

    function State(): Local
      reads this, topicRouter
    {
      Local(seenMessages, topicRouter.routes)
    }

    constructor (connectionPool: ConnectionPool, capacity: real, refillRate: real, fanout: nat)
      ensures Valid() && State() == Local({}, map[]) && emitted == multiset{}
      ensures this.connectionPool == connectionPool && this.fanout == fanout
      ensures fresh(rateLimiter) && fresh(topicRouter) && rateLimiter.rate == RateLimiting.Rate(capacity, refillRate)
      ensures forall p :: rateLimiter.AccountOf(p) == RateLimiting.FRESH
    {
      this.connectionPool, this.fanout := connectionPool, fanout;
      rateLimiter := new RateLimiting.RateLimiter(capacity, refillRate);
      topicRouter := new TopicRouter();
      seenMessages, emitted := {}, multiset{};
    }

    /** The peers that the message may be forwarded to. */
    method Candidates(message: P2PMessage, fromPeerId: Option<Peer>, now: int) returns (availablePeers: seq<Peer>)
      ensures NoDup(availablePeers)
      ensures Set(availablePeers) == Eligible(connectionPool.Peers(), topicRouter.routes, message.Value(), fromPeerId, now)
      ensures forall p :: p in availablePeers <==>
                && p in connectionPool.Peers() && p != message.sender && fromPeerId != Some(p)
                && (message.topic == "" || message.topic == "global"
                    || exists o :: Lookup(topicRouter.routes, message.topic, o).Some?
                                   && Lookup(topicRouter.routes, message.topic, o).value.nextHop == p
                                   && Lookup(topicRouter.routes, message.topic, o).value.expiresAt >= now)
    {
      availablePeers := connectionPool.GetAllPeerIds();
      if message.topic != "" && message.topic != "global" {
        var subscribedPeers := topicRouter.GetPeersForTopic(message.topic, now);
        availablePeers := Filter(availablePeers, subscribedPeers);
      }
      availablePeers := Without(availablePeers, {message.sender} + OfOption(fromPeerId));
      forall p { EligibleMeaning(connectionPool.Peers(), topicRouter.routes, message.Value(), fromPeerId, now, p); }
      assert forall p :: p in availablePeers <==> p in Set(availablePeers);
    }

    /** Picks the targets at random and sends to exactly these. They are connected, neither the sender nor the
        neighbour that the message came from, and for a topic of its own next hops of unexpired entries; as many of
        these as the fan-out allows. */
    method ForwardMessage(message: P2PMessage, fromPeerId: Option<Peer>, now: int, trail: seq<Peer>)
      returns (selectedPeers: set<Peer>)
      modifies connectionPool`sent
      ensures FanoutChoice(fanout, Eligible(connectionPool.Peers(), topicRouter.routes, message.Value(), fromPeerId, now), selectedPeers)
      ensures forall p :: p in selectedPeers ==>
                && p in connectionPool.Peers() && p != message.sender && fromPeerId != Some(p)
                && (message.topic == "" || message.topic == "global"
                    || exists o :: Lookup(topicRouter.routes, message.topic, o).Some?
                                   && Lookup(topicRouter.routes, message.topic, o).value.nextHop == p
                                   && Lookup(topicRouter.routes, message.topic, o).value.expiresAt >= now)
      ensures |selectedPeers| <= fanout
      ensures |selectedPeers| < fanout ==>
                forall p :: && p in connectionPool.Peers() && p != message.sender && fromPeerId != Some(p)
                            && (message.topic == "" || message.topic == "global"
                                || exists o :: Lookup(topicRouter.routes, message.topic, o).Some?
                                               && Lookup(topicRouter.routes, message.topic, o).value.nextHop == p
                                               && Lookup(topicRouter.routes, message.topic, o).value.expiresAt >= now)
                            ==> p in selectedPeers
      ensures connectionPool.sent == old(connectionPool.sent)
              + Copies(connectionPool.Connections(), connectionPool.localPeerId, selectedPeers, message.Value(), trail)
    {
      var availablePeers := Candidates(message, fromPeerId, now);
      selectedPeers := Pick(availablePeers);
      ChoiceMeaning(fanout, Set(availablePeers), selectedPeers);
      hide FanoutChoice, Eligible, Copies, Lookup;
      if |selectedPeers| == 0 {
        NoTargets(connectionPool.Connections(), connectionPool.localPeerId, message.Value(), trail);
        return;
      }
      BroadcastTo(message, selectedPeers, trail);
    }

    /** Up to `fanout` members of the list, moved out of it one at a time. */
    method Pick(candidates: seq<Peer>) returns (selectedPeers: set<Peer>)
      requires NoDup(candidates)
      ensures FanoutChoice(fanout, Set(candidates), selectedPeers)
    {
      var availablePeers := candidates;
      var k := if fanout <= |availablePeers| then fanout else |availablePeers|;
      selectedPeers := {};
      while |selectedPeers| < k && |availablePeers| > 0
        invariant NoDup(availablePeers) && |selectedPeers| <= k
        invariant Set(availablePeers) == Set(candidates) - selectedPeers && selectedPeers <= Set(candidates)
        decreases |availablePeers|
      {
        var randomIndex :| 0 <= randomIndex < |availablePeers|;
        Spliced(availablePeers, randomIndex);
        selectedPeers := selectedPeers + {availablePeers[randomIndex]};
        availablePeers := availablePeers[..randomIndex] + availablePeers[randomIndex + 1..];
      }
      SetSize(candidates);
      if |availablePeers| == 0 {
        assert Set(availablePeers) == {};
        assert selectedPeers == Set(candidates);
      }
    }

    function Without(ids: seq<Peer>, excluded: set<Peer>): (r: seq<Peer>)
      ensures Set(r) == Set(ids) - excluded
      ensures NoDup(ids) ==> NoDup(r)
    {
      Filter(ids, Set(ids) - excluded)
    }

    /** A broadcast takes the peers to leave out, so everyone but the targets is left out. */
    method BroadcastTo(message: P2PMessage, targets: set<Peer>, trail: seq<Peer>)
      modifies connectionPool`sent
      ensures connectionPool.sent == old(connectionPool.sent)
              + Copies(connectionPool.Connections(), connectionPool.localPeerId, targets, message.Value(), trail)
    {
      var allActivePeers := connectionPool.GetAllPeerIds();
      var finalExcludeList := Without(allActivePeers, targets);
      connectionPool.Broadcast(message, finalExcludeList, trail);
      TargetsWithinPeers(connectionPool.Connections(), connectionPool.localPeerId,
                         connectionPool.Peers() - Set(finalExcludeList), targets, message.Value(), trail);
    }

    /** Passes an advertisement on to every peer it has not come through. */
    method ForwardAd(message: P2PMessage, fromPeerId: Option<Peer>, trail: seq<Peer>)
      modifies message, connectionPool`sent
      ensures message.Value() == old(message.Value()).(ttl := old(message.ttl) - 1,
                                                       routingPath := old(message.routingPath) + [connectionPool.localPeerId])
      ensures connectionPool.sent == old(connectionPool.sent)
              + Copies(connectionPool.Connections(), connectionPool.localPeerId,
                       AdTargets(connectionPool.localPeerId, connectionPool.Peers(), old(message.Value()), fromPeerId),
                       message.Value(), trail)
    {
      message.ttl := message.ttl - 1;
      var nextPath := message.routingPath + [connectionPool.localPeerId];
      message.routingPath := nextPath;
      var activePeers := connectionPool.GetAllPeerIds();
      var excludeSet := Set(nextPath) + OfOption(fromPeerId) + {message.sender};
      var selected := Without(activePeers, excludeSet);
      assert Set(selected) == AdTargets(connectionPool.localPeerId, connectionPool.Peers(), old(message.Value()), fromPeerId);
      if |selected| > 0 {
        BroadcastTo(message, Set(selected), trail);
      } else {
        NoTargets(connectionPool.Connections(), connectionPool.localPeerId, message.Value(), trail);
      }
    }

    /** Brings an advertisement into the table; says whether that changed it. */
    method ApplyAd(message: P2PMessage, fromPeerId: Option<Peer>, now: int) returns (changed: bool)
      requires message.kind.Control? && message.kind.payload.SubAd? && topicRouter.Valid()
      modifies topicRouter
      ensures topicRouter.Valid()
      ensures (topicRouter.routes, changed) ==
              Advertised(connectionPool.localPeerId, old(topicRouter.routes), message.Value(), fromPeerId, now)
      ensures var ad, was := message.kind.payload, old(topicRouter.routes);
              && (forall tp, o :: tp != ad.topic || o != message.sender ==> Lookup(topicRouter.routes, tp, o) == Lookup(was, tp, o))
              && (ad.action == Leave ==> Lookup(topicRouter.routes, ad.topic, message.sender).None?
                                         && (changed <==> Lookup(was, ad.topic, message.sender).Some?))
              && (ad.action == Join && changed ==>
                    Lookup(topicRouter.routes, ad.topic, message.sender) ==
                    Some(Route(if fromPeerId.Some? then fromPeerId.value else connectionPool.localPeerId, |message.routingPath|,
                               ad.sequenceNumber, message.routingPath, now + 30000)))
              && (ad.action == Unknown ==> topicRouter.routes == was && !changed)
    {
      var ad := message.kind.payload;
      match ad.action
      case Join =>
        var nextHop := if fromPeerId.Some? then fromPeerId.value else connectionPool.localPeerId;
        changed := topicRouter.UpdateRoute(ad.topic, message.sender, nextHop, |message.routingPath|, ad.sequenceNumber,
                                           message.routingPath, now + ROUTE_LEASE_MS);
      case Leave =>
        changed := topicRouter.RemoveRoute(ad.topic, message.sender);
      case Unknown =>
        changed := false;
    }

    /** A refused message changes nothing but the rate limiter. An accepted one has the effect that
        `Receive` describes, for some legitimate choice of targets. */
    method ReceiveMessage(message: P2PMessage, fromPeerId: Option<Peer>, powValid: bool, signatureValid: bool, now: int, trail: seq<Peer>)
      returns (ghost chosen: set<Peer>)
      requires Valid()
      modifies this`seenMessages, this`emitted, message, connectionPool`sent, rateLimiter, topicRouter
      ensures Valid()
      ensures forall p :: rateLimiter.AccountOf(p) ==
                          if powValid && fromPeerId == Some(p)
                          then RateLimiting.Check(rateLimiter.rate, old(rateLimiter.AccountOf(p)), now).0
                          else old(rateLimiter.AccountOf(p))
      ensures var self, peers := connectionPool.localPeerId, connectionPool.Peers();
              var accepted := powValid && signatureValid
                              && (fromPeerId.None? || RateLimiting.Check(rateLimiter.rate, old(rateLimiter.AccountOf(fromPeerId.value)), now).1.Admitted?);
              if accepted then
                var was, m := old(State()), old(message.Value());
                var e := Receive(self, peers, was, m, fromPeerId, now, chosen);
                && (m.kind.Ordinary? && m.id !in was.seen ==>
                      FanoutChoice(fanout, Eligible(peers, was.routes, m, fromPeerId, now), chosen))
                && State() == e.local && message.Value() == e.message
                && connectionPool.sent == old(connectionPool.sent) + Copies(connectionPool.Connections(), self, e.targets, e.message, trail + [self])
                && emitted == if e.emitted then old(emitted) + multiset{m.id} else old(emitted)
              else
                && State() == old(State()) && message.Value() == old(message.Value())
                && connectionPool.sent == old(connectionPool.sent) && emitted == old(emitted)
    {
      chosen := {};
      if !powValid { return; }
      if fromPeerId.Some? {
        var allowed := rateLimiter.CheckLimit(fromPeerId.value, now);
        if !allowed { return; }
      }
      if !signatureValid { return; }
      chosen := Process(message, fromPeerId, now, trail);
    }

    method Process(message: P2PMessage, fromPeerId: Option<Peer>, now: int, trail: seq<Peer>) returns (ghost chosen: set<Peer>)
      requires Valid()
      modifies this`seenMessages, this`emitted, message, connectionPool`sent, topicRouter
      ensures Valid()
      ensures var self, peers := connectionPool.localPeerId, connectionPool.Peers();
              var was, m := old(State()), old(message.Value());
              var e := Receive(self, peers, was, m, fromPeerId, now, chosen);
              && (m.kind.Ordinary? && m.id !in was.seen ==>
                    FanoutChoice(fanout, Eligible(peers, was.routes, m, fromPeerId, now), chosen))
              && State() == e.local && message.Value() == e.message
              && connectionPool.sent == old(connectionPool.sent) + Copies(connectionPool.Connections(), self, e.targets, e.message, trail + [self])
              && emitted == if e.emitted then old(emitted) + multiset{m.id} else old(emitted)
    {
      hide Lookup;
      ghost var self := connectionPool.localPeerId;
      chosen := {};
      NoTargets(connectionPool.Connections(), self, message.Value(), trail + [self]);
      if message.id in seenMessages { return; }
      seenMessages := seenMessages + {message.id};
      if message.kind.Control? {
        if message.kind.payload.Unparsable? { return; }
        if connectionPool.localPeerId in message.routingPath { return; }
        var changed := ApplyAd(message, fromPeerId, now);
        if changed && message.ttl > 1 {
          ForwardAd(message, fromPeerId, trail + [connectionPool.localPeerId]);
        }
      } else {
        chosen := PickFanout(fanout, Eligible(connectionPool.Peers(), topicRouter.routes, message.Value(), fromPeerId, now));
        message.ttl := message.ttl - 1;
        NoTargets(connectionPool.Connections(), self, message.Value(), trail + [self]);
        if message.ttl > 0 {
          chosen := ForwardMessage(message, fromPeerId, now, trail + [connectionPool.localPeerId]);
        }
      }
      emitted := emitted + multiset{message.id};
    }
  }
}
